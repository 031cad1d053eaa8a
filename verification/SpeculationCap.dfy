/** No part ever starts more launches than its cap, and so holds no more. */
module SpeculationCap {
  import opened Options
  import opened PythonDict
  import opened PythonRepr
  import opened CanonicalKey
  import opened SpeculationStore
  import opened SpeculativeRun

  /** `launched` counts at least the launches still waiting, and stays within the cap. */
  ghost predicate CappedWatch(cap: nat, watch: Watch) {
    |WatchBag(watch)| <= watch.launched <= cap
  }

  ghost predicate Capped(cap: nat, parts: Dict<string, Watch>) {
    forall part :: part in parts ==> CappedWatch(cap, part.1)
  }

  lemma GetCapped(cap: nat, parts: Dict<string, Watch>, id: string, step: int)
    requires Capped(cap, parts)
    ensures CappedWatch(cap, Get(parts, id, NewWatch(step)))
  {
    EmptyWatch(step, "");
    hide WatchBag;
    if Has(parts, id) {
      assert parts[Find(parts, id)] in parts;
    }
  }

  lemma PutCapped(cap: nat, parts: Dict<string, Watch>, id: string, watch: Watch)
    requires Capped(cap, parts) && CappedWatch(cap, watch)
    ensures Capped(cap, Put(parts, id, watch))
  {
    hide CappedWatch;
  }

  lemma DeleteCapped(cap: nat, parts: Dict<string, Watch>, id: string)
    requires Capped(cap, parts)
    ensures Capped(cap, Delete(parts, id))
  {
    hide CappedWatch;
  }

  lemma ClaimCapped(cap: nat, parts: Dict<string, Watch>, parent: string, key: string)
    requires Capped(cap, parts)
    ensures Capped(cap, Claim(parts, parent, key).1)
  {
    var i := Claimed(parts, parent, key);
    if i < |parts| {
      var part := parts[i];
      assert part in parts;
      Popping(part.1, key, key);
      assert CappedWatch(cap, PopFront(part.1, key)) by {
        hide WatchBag, Queue, Bag;
      }
      hide CappedWatch, PopFront, Claimed;
    }
  }

  lemma LaunchCapped(setup: Setup, w: World, id: string, call: Extracted)
    requires Capped(setup.cap, w.store.parts)
    ensures Capped(setup.cap, LaunchBelowCap(setup, w, id, call).store.parts)
  {
    var c := ContextOf(setup, w);
    var watch := WatchOf(c, w.store, id);
    var l := NewLaunch(c, w.store, call);
    GetCapped(setup.cap, w.store.parts, id, w.step);
    if watch.launched < setup.cap {
      Filing(watch, KeyOf(c.p, call), l, "");
      assert CappedWatch(setup.cap, File(watch, KeyOf(c.p, call), l)) by {
        hide WatchBag, KeyOf;
      }
      hide CappedWatch, File, KeyOf;
      PutCapped(setup.cap, w.store.parts, id, File(watch, KeyOf(c.p, call), l));
    }
  }

  lemma NoteCapped(cap: nat, w: World, id: string, note: Watch -> Watch)
    requires Capped(cap, w.store.parts) && (note == NoteHit || note == NoteMiss)
    ensures Capped(cap, Noted(w, id, note).store.parts)
  {
    var watch := Get(w.store.parts, id, NewWatch(w.step));
    GetCapped(cap, w.store.parts, id, w.step);
    assert WatchBag(note(watch)) == WatchBag(watch);
    hide WatchBag;
    PutCapped(cap, w.store.parts, id, note(watch));
  }

  lemma ObserveCapped(cap: nat, w: World)
    requires Capped(cap, w.store.parts)
    ensures Capped(cap, Observed(w).store.parts)
  {
    RetiredParts(w.store.parts, w.step);
    hide CappedWatch, WatchBag, WaitingAll;
  }

  lemma RekeyCapped(cap: nat, w: World, id: string, newId: string)
    requires Capped(cap, w.store.parts)
    ensures Capped(cap, Rekeyed(w, id, newId).store.parts)
  {
    hide CappedWatch, WatchBag;
    if Has(w.store.parts, id) {
      GetCapped(cap, w.store.parts, id, 0);
      DeleteCapped(cap, w.store.parts, id);
      PutCapped(cap, Delete(w.store.parts, id), newId, Get(w.store.parts, id, NewWatch(0)));
    }
  }

  lemma StartCapped(cap: nat, w: World, id: string)
    requires Capped(cap, w.store.parts)
    ensures Capped(cap, Replace(Observed(w), id, NewWatch(w.step)).store.parts)
  {
    ObserveCapped(cap, w);
    EmptyWatch(w.step, "");
    assert CappedWatch(cap, NewWatch(w.step));
    hide CappedWatch, WatchBag, Observed;
    PutCapped(cap, Observed(w).store.parts, id, NewWatch(w.step));
  }

  lemma StepCapped(setup: Setup, w: World, e: Event)
    requires Capped(setup.cap, w.store.parts)
    ensures Capped(setup.cap, Step(setup, w, e).store.parts)
  {
    hide Capped, Observed, Replace, Rekeyed, LaunchBelowCap, Noted, Claim, Finish, Record, Reserve, MeaningOf, ColdStep;
    match e
    case Observe => ObserveCapped(setup.cap, w);
    case PartStart(id) => StartCapped(setup.cap, w, id);
    case Rekey(id, newId) => RekeyCapped(setup.cap, w, id, newId);
    case LaunchOne(id, extracted) => LaunchCapped(setup, w, id, extracted);
    case Dispatch(run, name, kwargs) =>
      if HasBudget(setup, w.session, run) {
        ClaimCapped(setup.cap, w.store.parts, w.session.executions[run].parent, Key(setup.p, name, kwargs));
      }
    case Begin(call, eligible) =>
      if Ready(w.session, call, false) {
        NoteCapped(setup.cap, w.(session := Record(w.session, call)), ParentOf(w.session, call), NoteMiss);
      }
    case Settle(call) =>
      if Ready(w.session, call, true) {
        NoteCapped(setup.cap, w, ParentOf(w.session, call), NoteHit);
      }
    case Complete(run) =>
      if run < |w.session.executions| {
        DeleteCapped(setup.cap, w.store.parts, w.session.executions[run].parent);
      }
    case CloseStore => NoPartsCapped(setup.cap);
    case _ =>
  }

  lemma NoPartsCapped(cap: nat)
    ensures Capped(cap, [])
  {
  }

  lemma {:induction false} RunCapped(setup: Setup, w: World, events: seq<Event>)
    requires Capped(setup.cap, w.store.parts)
    ensures Capped(setup.cap, Run(setup, w, events).store.parts)
    decreases |events|
  {
    hide Capped, Step;
    if events != [] {
      StepCapped(setup, w, events[0]);
      RunCapped(setup, Step(setup, w, events[0]), events[1..]);
    }
  }

  /** In every reachable state each part in the store has started at most `cap` launches, whatever was claimed from
      it, and at most that many of them wait. */
  lemma NoPartExceedsItsCap(setup: Setup, renames: map<string, string>, step: int, events: seq<Event>)
    ensures Capped(setup.cap, Run(setup, Initial(renames, step), events).store.parts)
  {
    RunCapped(setup, Initial(renames, step), events);
  }
}
